/** The portfolio owner's data of src/data/personalInfo.ts, the constant input
    of every formatter. */
module Profile {
  import opened Wrappers
  import opened Records

  const Portfolio: Info := Info(
    "JupiterCodes",
    "MTech CSE Student & AI/ML Developer",
    "Passionate about building intelligent systems and creating seamless user experiences. \nCurrently pursuing MTech in Computer Science Engineering with a focus on AI/ML technologies.\nI love exploring the intersection of artificial intelligence and web development.",
    ["Python", "JavaScript", "TypeScript", "React", "Node.js", "TensorFlow", "PyTorch",
     "Machine Learning", "Deep Learning", "Tailwind CSS", "MongoDB", "PostgreSQL", "Docker",
     "AWS", "Git", "Linux", "Data Science", "Computer Vision", "NLP"],
    [ Project(
        "AI Chat Application",
        "Real-time chat app with AI-powered responses using OpenAI API",
        ["React", "Node.js", "Socket.io", "OpenAI API"],
        Some("https://github.com/username/ai-chat"),
        Some("https://ai-chat-demo.vercel.app")),
      Project(
        "ML Model Deployment Platform",
        "Platform for deploying and managing machine learning models at scale",
        ["Python", "FastAPI", "Docker", "AWS", "React"],
        Some("https://github.com/username/ml-platform"),
        None),
      Project(
        "Smart Code Analyzer",
        "AI tool that analyzes code quality and suggests improvements",
        ["Python", "Transformers", "React", "TypeScript"],
        Some("https://github.com/username/code-analyzer"),
        Some("https://code-analyzer.netlify.app")) ],
    [ Experience(
        "MTech Student",
        "B K Birla Institute of Engineering & Technology, Pilani",
        "2024 - 2026",
        "Specializing in Artificial Intelligence and Machine Learning") ],
    [ ("GitHub", "https://github.com/SankalpHaritash21"),
      ("LinkedIn", "https://www.linkedin.com/in/sankalp-haritash/"),
      ("Twitter", "https://x.com/JupiterCoder"),
      ("Email", "sanklpkaushik21@gmail.com") ],
    "https://drive.google.com/file/d/17r9MU38B3pg3yw_78j7bLmKcjB-vR2CQ/view?usp=sharing")
}
